# Policy manager and hotel booking screens, modelled in Dafny

The application is an Angular front-end with two parts. The first is an
insurance-policy manager: a paginated, searchable policy list with a
client-side renewal-type filter, and a four-step wizard that creates a policy
or edits an existing one. The second is a hotel-booking demo: a search form,
a results screen with a tab, five filters and three sort orders, a hotel
detail screen, a room selection screen and a checkout screen.

This project models the logic inside those components:

- the list's paginator, its five-page window, the renewal filter, the
  payment-month column and the badge class maps (module `AllPolicies`);
- the wizard's reactive form, with its controls, validators, step validity,
  back-filling of a loaded policy and the end-date computation (`PolicyForm`);
- the wizard's step machine and submit gate (`PolicyWizard`);
- the query defaults, traveller counters and traveller summary shared by the
  hotel screens (`HotelSearch`);
- each hotel screen as a class: `HotelSearchForm`, `HotelResultsPage`,
  `HotelDetailPage`, `RoomSelectionPage` and `CheckoutPage`.

Support modules model the JavaScript built-ins the components rely on:

- `Text`: ASCII case mapping, `trim` on ECMAScript's white space and line terminators, `includes`, decimal text;
- `Seqs`: `filter`, `slice`, a sort;
- `JsMath`: `Math.ceil` and `Math.round` of a quotient;
- `Dates`: a date field as empty, unreadable or an instant in milliseconds;
- `Wrappers`: `Option`.

Components whose methods change fields are classes with those fields. HTTP
calls are not performed. Each call is modelled as a returned `Request` value,
and each of its callbacks as a method that takes the server's answer as
parameters. Router navigations are returned values too: a `Query`, a
`DetailLink`, a `RoomsLink`, a `CheckoutQuery` or a `Redirect`. Other inputs
the components read from the browser are parameters:

- the current instant and `new Date(s).getTime()` (as `parse`);
- `toISOString().split('T')[0]` (as `isoDate`);
- the calendar fields of an instant;
- the verdict of `Validators.email`;
- the fixture hotels and rooms.

The hotel results screen keeps `filteredHotels` as positions into `hotels`.
In the source the two arrays share their hotel objects, so a wishlist flag
flipped in `hotels` shows in the filtered view as well; the positions keep
that sharing.

## Model

| member | source | states |
|---|---|---|
| AllPolicies.PolicyList.constructor | src/app/core/policy/all-policies/all-policies.ts:15-48 | The initial list state: no policies, loading, page 1 of 0, page size 5, the five renewal types unselected, an empty cache. |
| AllPolicies.PolicyList.LoadPolicies | src/app/core/policy/all-policies/all-policies.ts:70-81 | Sets loading and clears the error; requests the current page with the page size. |
| AllPolicies.ReportedTotal | src/app/core/policy/all-policies/all-policies.ts:85 | The reported total is the first non-zero of `total`, `totalCount` and the fetched length; it is 0 only when all three are. |
| AllPolicies.PageCountCoversTotal | src/app/core/policy/all-policies/all-policies.ts:86 | `ceil(total / 5)` pages hold every record and none of them is empty; 0 records give 0 pages. |
| AllPolicies.PolicyList.OnPoliciesLoaded | src/app/core/policy/all-policies/all-policies.ts:82-89 | Shows the fetched policies; sets the total as reported and the page count to the ceiling of total over page size; ends loading and marks no search active. |
| AllPolicies.PolicyList.OnLoadFailed | src/app/core/policy/all-policies/all-policies.ts:90-94 | Sets the load error message and ends loading. |
| AllPolicies.PolicyList.SearchPolicies | src/app/core/policy/all-policies/all-policies.ts:99-117 | A query that trims to empty clears the search and loads page 1; any other query starts a search for the trimmed text. |
| AllPolicies.PolicyList.StartSearch | src/app/core/policy/all-policies/all-policies.ts:105-117 | Sets loading and searching, clears the error, and requests the current page of the trimmed query. |
| AllPolicies.PolicyList.OnSearchLoaded | src/app/core/policy/all-policies/all-policies.ts:118-126 | Shows the results of the search, with the total and page count as for a load; marks the search active. |
| AllPolicies.PolicyList.OnSearchFailed | src/app/core/policy/all-policies/all-policies.ts:127-132 | Sets the search error message and ends loading and searching. |
| AllPolicies.PolicyList.OnSearch | src/app/core/policy/all-policies/all-policies.ts:137-140 | A new search returns to page 1 and then behaves as `searchPolicies`. |
| AllPolicies.PolicyList.ClearSearch | src/app/core/policy/all-policies/all-policies.ts:148-153 | Forgets the query and the active search and loads page 1. |
| AllPolicies.PolicyList.RefreshPolicies | src/app/core/policy/all-policies/all-policies.ts:155-160 | The same reset as clearing the search. |
| AllPolicies.PolicyList.ReloadCurrentPage | src/app/core/policy/all-policies/all-policies.ts:165-169 | Re-runs the search when one is active with a non-blank query, otherwise reloads the plain list. |
| AllPolicies.PolicyList.GoToPage | src/app/core/policy/all-policies/all-policies.ts:162-171 | Moves to `page` and reloads only when it lies in 1..totalPages and differs from the current page; otherwise nothing changes and nothing is requested. |
| AllPolicies.PolicyList.NextPage | src/app/core/policy/all-policies/all-policies.ts:173-182 | Moves exactly one page forward and reloads while before the last page, otherwise nothing changes; never goes past the last page. |
| AllPolicies.PolicyList.PrevPage | src/app/core/policy/all-policies/all-policies.ts:184-193 | Moves exactly one page back and reloads while after page 1, otherwise nothing changes; never goes below page 1. |
| AllPolicies.PolicyList.GetPageNumbers | src/app/core/policy/all-policies/all-policies.ts:195-211 | At most five strictly consecutive pages, all within 1..totalPages, none when there are no pages. The window ends at totalPages or four pages after max(1, currentPage − 2), whichever is smaller. It starts four pages before that end, but not before page 1. When the current page is real, it is in the window and the window is as long as it can be. Away from both ends, the window is the current page and two pages on each side. |
| AllPolicies.StatusClass | src/app/core/policy/all-policies/all-policies.ts:276-298 | '' exactly for an empty status; otherwise the class of the lower-cased status, or `status-default` for an unknown one. |
| AllPolicies.ModeClass | src/app/core/policy/all-policies/all-policies.ts:301-321 | '' exactly for an empty mode; otherwise the class of the lower-cased mode, or `mode-default` for an unknown one. |
| AllPolicies.ClassesIgnoreCase | src/app/core/policy/all-policies/all-policies.ts:276-321 | Both class maps give the same class for a value, its lower-cased and its upper-cased form. |
| AllPolicies.PaymentMonthIndices | src/app/core/policy/all-policies/all-policies.ts:340-351 | `count` month indices, the i-th being `(start + i * step) % 12`. |
| AllPolicies.PaymentMonthNames | src/app/core/policy/all-policies/all-policies.ts:340-351 | The names of those months, in the same order. |
| AllPolicies.CollectMonths | src/app/core/policy/all-policies/all-policies.ts:340-351 | The pushing loop yields exactly those month names. |
| AllPolicies.GetPaymentMonths | src/app/core/policy/all-policies/all-policies.ts:324-362 | '-' without a start date or for an unknown frequency. YEARLY gives the start month, MONTHLY 'Every Month', SINGLE the start month marked one-time. HALF_YEARLY (any of its spellings) gives the months at offsets 0 and 6, QUARTERLY those at 0, 3, 6 and 9. |
| AllPolicies.QuarterlyMonthsListed | src/app/core/policy/all-policies/all-policies.ts:347-351 | The quarterly months are the start month and the months 3, 6 and 9 months later, wrapped past December. |
| AllPolicies.QuarterlyMonth | src/app/core/policy/all-policies/all-policies.ts:347-351 | A month is a quarterly month exactly when its distance from the start month is a multiple of three. |
| AllPolicies.QuarterlyMonthsAreOneResidueClass | src/app/core/policy/all-policies/all-policies.ts:347-351 | The same, for every month at once. |
| AllPolicies.HalfYearlyMonthsAreSixApart | src/app/core/policy/all-policies/all-policies.ts:340-344 | The two half-yearly months differ and are six months apart. |
| AllPolicies.PolicyList.ToggleRenewalDropdown | src/app/core/policy/all-policies/all-policies.ts:365-367 | Flips the dropdown's open flag. |
| AllPolicies.PolicyList.CloseRenewalDropdown | src/app/core/policy/all-policies/all-policies.ts:369-371 | Closes the dropdown. |
| AllPolicies.Toggled | src/app/core/policy/all-policies/all-policies.ts:373-375 | Flips the chosen entry's selected flag, keeps its value and label, and leaves every other entry as it was. |
| AllPolicies.ToggleTwice | src/app/core/policy/all-policies/all-policies.ts:373-375 | Toggling the same entry twice restores the list. |
| AllPolicies.PolicyList.ToggleRenewalType | src/app/core/policy/all-policies/all-policies.ts:373-375 | The renewal types after the toggle are the list with that one entry flipped. |
| AllPolicies.SelectedCount | src/app/core/policy/all-policies/all-policies.ts:377-379 | The count is 0 exactly when no entry is selected. |
| AllPolicies.SelectedValues | src/app/core/policy/all-policies/all-policies.ts:381-383 | Holds exactly the values of the selected entries, and no more of them than there are entries. |
| AllPolicies.SelectedCountIsSelectedValuesLength | src/app/core/policy/all-policies/all-policies.ts:377-383 | The selected count is the number of selected values. |
| AllPolicies.PolicyList.GetSelectedRenewalCount | src/app/core/policy/all-policies/all-policies.ts:377-379 | 0 exactly when no renewal type is selected, and otherwise the number of selected types. |
| AllPolicies.PolicyList.GetSelectedRenewalTypes | src/app/core/policy/all-policies/all-policies.ts:381-383 | Exactly the values of the selected renewal types. |
| AllPolicies.PolicyList.ClearRenewalFilters | src/app/core/policy/all-policies/all-policies.ts:385-387 | Deselects every entry and keeps values and labels, so the count is 0 and no type is selected. |
| AllPolicies.PolicyList.ApplyRenewalFilter | src/app/core/policy/all-policies/all-policies.ts:389-414 | Closes the dropdown and returns to page 1. With nothing selected it reloads as a page move does; otherwise it sets loading and fetches up to 1000 policies for the client-side filter. |
| AllPolicies.FrequencyFilterSpec | src/app/core/policy/all-policies/all-policies.ts:419-427 | A policy passes the frequency step exactly when its upper-cased frequency matches a selected type, and the kept policies form an order-preserving subsequence of the fetched data, each kept policy as many times as the data holds it. |
| AllPolicies.FilterByFrequency | src/app/core/policy/all-policies/all-policies.ts:419-427 | Never longer than the fetched data; every policy it keeps has a selected frequency. |
| AllPolicies.HalfYearlyAcceptsAllSpellings | src/app/core/policy/all-policies/all-policies.ts:421-424 | With HALF_YEARLY selected, HALF_YEARLY, HALF-YEARLY and HALFYEARLY in any letter case all pass. |
| AllPolicies.OtherTypesMatchExactly | src/app/core/policy/all-policies/all-policies.ts:419-427 | Without HALF_YEARLY selected, a policy passes exactly when its upper-cased frequency is a selected type. |
| AllPolicies.NarrowBySearch | src/app/core/policy/all-policies/all-policies.ts:430-438 | Never longer than its input, and keeps only policies of its input. |
| AllPolicies.RenewalFiltered | src/app/core/policy/all-policies/all-policies.ts:419-438 | `finalFiltered` is never longer than the fetched data, and every policy in it has a selected frequency. |
| AllPolicies.RenewalFilteredSpec | src/app/core/policy/all-policies/all-policies.ts:419-438 | The final list is an order-preserving subsequence of the fetched data holding exactly the policies with a selected frequency. While a search is in effect, they must also have a lower-cased policy number or holder name containing the trimmed, lower-cased query. Each kept policy appears as many times as the fetched data holds it, so `totalPolicies` is fixed. |
| AllPolicies.PolicyList.OnRenewalFilterFetched | src/app/core/policy/all-policies/all-policies.ts:416-449 | Caches the filtered list and sets the total to its length and the page count to the ceiling of total over page size. Shows the slice of the current page and ends loading. |
| AllPolicies.PolicyList.ShowCurrentPage | src/app/core/policy/all-policies/all-policies.ts:443-445 | Shows the slice of the cached list from `(currentPage - 1) * pageSize`, `pageSize` long. |
| AllPolicies.FilteredFirstPage | src/app/core/policy/all-policies/all-policies.ts:443-445 | On page 1 the shown policies are the first five filtered ones, or all of them when fewer, and each passes the filter. |
| AllPolicies.PolicyList.OnRenewalFilterFailed | src/app/core/policy/all-policies/all-policies.ts:450-454 | Sets the filter error message and ends loading. |
| PolicyForm.InitialValues | src/app/core/policy/new-policy/new-policy.ts:38-88 | The new form holds exactly the controls `initializeForm` declares. |
| PolicyForm.ValidatorsOf | src/app/core/policy/new-policy/new-policy.ts:38-88 | Every control is required except the village, the mandal and the two KYC numbers. Only the holder's email has the email validator, and no control has more than three validators. |
| PolicyForm.ControlValidOfOne | src/app/core/policy/new-policy/new-policy.ts:41-87 | A control with a single validator is valid exactly when that validator accepts its value. |
| PolicyForm.ControlValidOfTwo | src/app/core/policy/new-policy/new-policy.ts:41-87 | A control with two validators is valid exactly when both accept. |
| PolicyForm.MobileConstraint | src/app/core/policy/new-policy/new-policy.ts:58 | The mobile number is valid exactly when it is ten digits. |
| PolicyForm.PincodeConstraint | src/app/core/policy/new-policy/new-policy.ts:66 | The pincode is valid exactly when it is six digits. |
| PolicyForm.AadhaarConstraint | src/app/core/policy/new-policy/new-policy.ts:69 | The Aadhaar number is valid exactly when it is empty or twelve digits. |
| PolicyForm.PanConstraint | src/app/core/policy/new-policy/new-policy.ts:70 | The PAN is valid exactly when it is empty or five capitals, four digits and a capital. |
| PolicyForm.PercentageConstraint | src/app/core/policy/new-policy/new-policy.ts:79 | The nominee percentage is valid exactly when it lies in 1..100. |
| PolicyForm.AmountConstraints | src/app/core/policy/new-policy/new-policy.ts:44-47 | The sum assured must be at least 10000, the premium at least 100, and both terms at least 1. |
| PolicyForm.Existing | src/app/core/policy/new-policy/new-policy.ts:184-196 | The listed controls that `formGroup.get` finds: exactly those listed and present in the form. |
| PolicyForm.FirstFailing | src/app/core/policy/new-policy/new-policy.ts:150-158 | None exactly when steps 1..n all validate; otherwise a step in 1..n that fails, with every earlier step passing. |
| PolicyForm.StepValid | src/app/core/policy/new-policy/new-policy.ts:135-147 | A step outside 1..4 passes, and every step of a form whose controls are all valid passes. |
| PolicyForm.TouchedUpTo | src/app/core/policy/new-policy/new-policy.ts:150-158 | Includes the controls that validating each of steps 1..n touches. |
| PolicyForm.FormValidPassesEveryStep | src/app/core/policy/new-policy/new-policy.ts:135-182 | A form that is valid as a whole passes every step's validation. |
| PolicyForm.GroupIgnoresOthers | src/app/core/policy/new-policy/new-policy.ts:184-196 | Changing a control outside a list changes neither the list's verdict nor the controls it touches. |
| PolicyForm.StepsIgnoreUncheckedControls | src/app/core/policy/new-policy/new-policy.ts:160-182 | No step reads the status, village, mandal or KYC controls, so changing them never changes a step's verdict or what it touches. |
| PolicyForm.ShortAadhaarFailsForm | src/app/core/policy/new-policy/new-policy.ts:199 | A three-digit Aadhaar number makes the whole form invalid although no step checks it. |
| PolicyForm.BadPercentageFailsNomineeStep | src/app/core/policy/new-policy/new-policy.ts:174-177 | A nominee percentage outside 1..100 fails step 3. |
| PolicyForm.FormatDate | src/app/core/policy/edit-policy/edit-policy.ts:118-122 | '' stays ''; otherwise the result is the longest prefix before the first 'T', and the whole text when there is no 'T'. |
| PolicyForm.FormatDateIdempotent | src/app/core/policy/edit-policy/edit-policy.ts:118-122 | Formatting a formatted date changes nothing. |
| PolicyForm.BackfillField | src/app/core/policy/edit-policy/edit-policy.ts:124-169 | A date control gets text without 'T'. Any other control keeps a loaded value that is neither '' nor 0, and otherwise gets its default. |
| PolicyForm.Backfill | src/app/core/policy/edit-policy/edit-policy.ts:124-169 | Every control of the form gets its back-filled value from the loaded record, and no other key is present. |
| PolicyForm.BackfillIdempotent | src/app/core/policy/edit-policy/edit-policy.ts:124-169 | Back-filling a back-filled form changes nothing. |
| PolicyForm.BackfillDefaults | src/app/core/policy/edit-policy/edit-policy.ts:124-169 | A missing status becomes 'ACTIVE' and a missing percentage 100; every other missing field becomes ''. |
| PolicyForm.BackfilledFieldSetIffPresent | src/app/core/policy/edit-policy/edit-policy.ts:124-169 | Outside the dates, status and percentage, a back-filled control is non-empty exactly when the record held a truthy value for it. |
| PolicyForm.DefaultValue | src/app/core/policy/edit-policy/edit-policy.ts:124-169 | Only the status ('ACTIVE') and the percentage (100) fall back to a truthy value; every other missing field falls back to ''. |
| PolicyForm.Pad2 | src/app/core/policy/edit-policy/edit-policy.ts:329 | Two digits that read back as the number. |
| PolicyForm.Pad4 | src/app/core/policy/edit-policy/edit-policy.ts:329 | Four digits that read back as the number. |
| PolicyForm.IsoDate | src/app/core/policy/edit-policy/edit-policy.ts:329 | A `YYYY-MM-DD` text whose year, month and day read back as the given ones. |
| PolicyForm.EndDate | src/app/core/policy/edit-policy/edit-policy.ts:326-329 | None exactly when the start is not a calendar date or the new year leaves 0..9999. Otherwise a calendar date in the start year plus the term, on the same month and day. A 29 February landing in a common year rolls over to 1 March. |
| PolicyForm.EndDatePatch | src/app/core/policy/edit-policy/edit-policy.ts:321-332 | A patch only when both start date and term are present. Its year is then the start year plus the term; it is missing beyond that only when the start date or the year is out of range. |
| PolicyWizard.Wizard.constructor | src/app/core/policy/new-policy/new-policy.ts:14-88 | A fresh form with nothing touched, on step 1, not submitting, no message, in the given mode. |
| PolicyWizard.Wizard.MarkControlsAsTouched | src/app/core/policy/new-policy/new-policy.ts:184-196 | Touches every listed control the form holds without stopping early, and answers whether none of them is invalid. |
| PolicyWizard.Wizard.ValidatePolicyDetails | src/app/core/policy/new-policy/new-policy.ts:160-164 | Answers step 1's validity and touches its ten controls. |
| PolicyWizard.Wizard.ValidatePolicyHolderDetails | src/app/core/policy/new-policy/new-policy.ts:166-172 | Answers step 2's validity; the address controls are touched only when the holder controls pass. |
| PolicyWizard.Wizard.ValidateNomineeDetails | src/app/core/policy/new-policy/new-policy.ts:174-177 | Answers step 3's validity and touches its four controls. |
| PolicyWizard.Wizard.ValidateAgentDetails | src/app/core/policy/new-policy/new-policy.ts:179-182 | Answers step 4's validity and touches its three controls. |
| PolicyWizard.Wizard.ValidateCurrentStep | src/app/core/policy/new-policy/new-policy.ts:135-148 | Answers the current step's validity; a step outside 1..4 passes and touches nothing. |
| PolicyWizard.Wizard.ValidateStepsUpTo | src/app/core/policy/new-policy/new-policy.ts:150-158 | True exactly when steps 1..step all validate; then the current step ends at `step`. On failure it is left at the first failing step. Touches what validating the steps up to there touches. |
| PolicyWizard.Wizard.NextStep | src/app/core/policy/new-policy/new-policy.ts:115-121 | Advances exactly one step when the current step validates and is not the last, otherwise stays; never passes step 4. |
| PolicyWizard.Wizard.PrevStep | src/app/core/policy/new-policy/new-policy.ts:123-127 | Goes back one step while after step 1, without validating; never below step 1. |
| PolicyWizard.Wizard.GoToStep | src/app/core/policy/new-policy/new-policy.ts:129-133 | A move back or to the same step is unconditional and touches nothing. A move forward succeeds exactly when the steps before the target validate, and otherwise stops at the first failing step. The step stays in 1..4. |
| PolicyWizard.Wizard.OnSubmit | src/app/core/policy/new-policy/new-policy.ts:198-239 | A valid form sends the create (or, when editing, the update) request and marks submitting. An invalid one sends nothing, touches every control and sets the fixed message with `submitSuccess` false. |
| PolicyWizard.Wizard.SaveRequest | src/app/core/policy/new-policy/new-policy.ts:198-216 | The whole form is sent: as a create in create mode, and otherwise as an update of the route's policy number, as edit-policy.ts:279-296 does. |
| PolicyWizard.Wizard.OnSubmitSucceeded | src/app/core/policy/new-policy/new-policy.ts:216-226 | Ends submitting with success and shows the server's message or the mode's default. Schedules the redirect after 2000 ms, to the home page after a create and to the list after an update. |
| PolicyWizard.Wizard.OnSubmitFailed | src/app/core/policy/new-policy/new-policy.ts:227-232 | Ends submitting without success and shows the server's message or the mode's default. |
| PolicyWizard.Wizard.Init | src/app/core/policy/edit-policy/edit-policy.ts:37-43 | A fresh form. When editing, the policy number comes from the route and is loaded only when it is non-empty. |
| PolicyWizard.Wizard.OnPolicyLoaded | src/app/core/policy/edit-policy/edit-policy.ts:101-106 | The form becomes the back-fill of the loaded record, and loading ends; the throwing case is under "Left out". |
| PolicyWizard.Wizard.OnPolicyLoadFailed | src/app/core/policy/edit-policy/edit-policy.ts:107-112 | Sets the load error message, no success, and ends loading. |
| PolicyWizard.Wizard.CalculateEndDate | src/app/core/policy/edit-policy/edit-policy.ts:321-332 | Patches only the end date, with the value `EndDatePatch` yields; with no patch nothing changes. |
| HotelSearch.NumberParam | src/app/core/hotels/hotel-results/hotel-results.ts:75-77 | `+p`: an absent value is NaN, '' is 0, and an integer text is its number. |
| HotelSearch.NumberOr | src/app/core/hotels/hotel-results/hotel-results.ts:75-77 | `+p \|\| default`: the default exactly when the value is NaN or 0, otherwise the number; never 0 for a non-zero default. |
| HotelSearch.TextOr | src/app/core/hotels/hotel-results/hotel-results.ts:72-74 | `p \|\| default`: the value when it is present and non-empty, else the default. |
| HotelSearch.FromQuery | src/app/core/hotels/hotel-results/hotel-results.ts:71-78 | The parameters read: location 'Hyderabad', 2 adults, 0 children and 1 room when absent; the location, adults and rooms are never empty or 0. |
| HotelSearch.ToQuery | src/app/core/hotels/hotels.ts:103-111 | The location and the dates are sent as they are, and the three counts are written so that `+p` reads each back as itself. |
| HotelSearch.DetailQuery | src/app/core/hotels/hotel-results/hotel-results.ts:198-208 | The detail link carries no location, the dates as they are, and counts that read back as themselves. |
| HotelSearch.NumberOfIntText | src/app/core/hotels/hotel-results/hotel-results.ts:75-77 | A number written into a query reads back as itself. |
| HotelSearch.QueryRoundTrip | src/app/core/hotels/hotel-results/hotel-results.ts:222-234 | Writing the parameters into a query and reading them back gives them unchanged exactly when the location is non-empty and neither adults nor rooms is 0. |
| HotelSearch.DetailDropsLocation | src/app/core/hotels/hotel-results/hotel-results.ts:198-208 | The detail link carries every parameter but the location, which reads back as 'Hyderabad'. |
| HotelSearch.MoreAdults | src/app/core/hotels/hotel-results/hotel-results.ts:244-246 | One more adult; nothing else changes. |
| HotelSearch.FewerAdults | src/app/core/hotels/hotel-results/hotel-results.ts:248-252 | One adult fewer when there are more than one, else no change; never below one. |
| HotelSearch.MoreChildren | src/app/core/hotels/hotel-results/hotel-results.ts:254-256 | One more child; nothing else changes. |
| HotelSearch.FewerChildren | src/app/core/hotels/hotel-results/hotel-results.ts:258-262 | One child fewer when there are any, else no change; never below none. |
| HotelSearch.CountersKeepRange | src/app/core/hotels/hotel-results/hotel-results.ts:244-262 | Every counter keeps at least one adult and no negative children. |
| HotelSearch.DecreaseUndoesIncrease | src/app/core/hotels/hotel-results/hotel-results.ts:244-262 | Within those ranges, a decrease undoes an increase. |
| HotelSearch.TravellerWordPlural | src/app/core/hotels/hotel-results/hotel-results.ts:271-274 | The summary opens with the traveller count, followed by 'traveller', which is plural exactly when the count is above 1. |
| HotelSearch.TravellersText | src/app/core/hotels/hotel-results/hotel-results.ts:271-274 | The summary opens with the traveller count, read back up to the first space. |
| HotelSearch.SearchTravellersText | src/app/core/hotels/hotels.ts:45-49 | The search screen's summary opens with the traveller count, read back up to the first space. |
| HotelSearch.SearchTravellerWordPlural | src/app/core/hotels/hotels.ts:45-49 | The same for the search screen's summary. |
| HotelSearch.RoomWordPlural | src/app/core/hotels/hotel-results/hotel-results.ts:271-274 | The room word is plural exactly when rooms > 1 on the results, detail and room screens, and exactly when rooms != 1 on the search screen. |
| HotelSearch.SummariesAgreeIffRooms | src/app/core/hotels/hotels.ts:45-49 | The two summary styles agree exactly when there is at least one room. |
| HotelSearchForm.SearchCheck | src/app/core/hotels/hotels.ts:79-116 | Checks run in order. A missing field rejects first, then a check-in before today, then a check-out not after check-in. Navigation carries all six parameters. |
| HotelSearchForm.NavigationMeansValidStay | src/app/core/hotels/hotels.ts:79-116 | A search that navigates has every field filled in, and its readable dates run from today on, with check-out after check-in. |
| HotelSearchForm.ValidStayNavigates | src/app/core/hotels/hotels.ts:79-116 | A complete search with readable dates from today on and check-out after check-in always navigates. |
| HotelSearchForm.ResultsSeeTheSearch | src/app/core/hotels/hotels.ts:103-111 | The results screen reads a navigated search back unchanged when adults and rooms are non-zero. |
| HotelSearchForm.Hotels.constructor | src/app/core/hotels/hotels.ts:24-43 | The default form: the long Hyderabad location, check-in today, check-out the date two days later, 2 adults, 0 children, 1 room. |
| HotelSearchForm.Hotels.SearchHotels | src/app/core/hotels/hotels.ts:79-116 | The form's search. A navigation reads back as the form's parameters; missing fields reject with the fixed message. |
| HotelSearchForm.Hotels.GetTravellersText | src/app/core/hotels/hotels.ts:45-49 | Opens with the number of adults plus children. |
| HotelSearchForm.Hotels.IncreaseAdults | src/app/core/hotels/hotels.ts:59-61 | The form's parameters after `increaseAdults`. |
| HotelSearchForm.Hotels.DecreaseAdults | src/app/core/hotels/hotels.ts:63-67 | The form's parameters after `decreaseAdults`. |
| HotelSearchForm.Hotels.IncreaseChildren | src/app/core/hotels/hotels.ts:69-71 | The form's parameters after `increaseChildren`. |
| HotelSearchForm.Hotels.DecreaseChildren | src/app/core/hotels/hotels.ts:73-77 | The form's parameters after `decreaseChildren`. |
| HotelResultsPage.NarrowStep | src/app/core/hotels/hotel-results/hotel-results.ts:170-184 | Applying a filter that is switched on keeps exactly the hotels passing that filter as well, in their order. |
| HotelResultsPage.FilteredView | src/app/core/hotels/hotel-results/hotel-results.ts:158-195 | The specification of what `applyFilters` shows: positions of the hotels, each at most once, exactly those the tab admits and that pass every filter switched on, in the order `sortBy` asks. Every position it lists is a hotel in range that passes the filters, on a tab other than 'homes'. |
| HotelResultsPage.SortedIsView | src/app/core/hotels/hotel-results/hotel-results.ts:186-195 | Reordering the narrowed hotels as the sort asks gives the filtered view. |
| HotelResultsPage.HomesTabIsEmpty | src/app/core/hotels/hotel-results/hotel-results.ts:164-167 | The 'homes' tab always shows nothing. |
| HotelResultsPage.UnfilteredViewIsEverything | src/app/core/hotels/hotel-results/hotel-results.ts:158-196 | With no filter and the recommended order, the view is every hotel in the list's order. |
| HotelResultsPage.FilterHotels | src/app/core/hotels/hotel-results/hotel-results.ts:158-195 | The view lists hotels of the list, each at most once: exactly those the tab admits and that pass every filter switched on. It is a permutation of them, ordered by price ascending, price descending or rating descending as asked, otherwise in list order. |
| HotelResultsPage.FindHotel | src/app/core/hotels/hotel-results/hotel-results.ts:212 | The first hotel with the id, or none when no hotel has it. |
| HotelResultsPage.WishlistToggled | src/app/core/hotels/hotel-results/hotel-results.ts:210-216 | Flips the wishlist flag of the first hotel with the id only; every other hotel and every other field is unchanged. |
| HotelResultsPage.WishlistToggledTwice | src/app/core/hotels/hotel-results/hotel-results.ts:210-216 | Toggling the same id twice restores the hotels. |
| HotelResultsPage.HotelResults.constructor | src/app/core/hotels/hotel-results/hotel-results.ts:39-61 | The initial screen: default parameters, the hotels tab, the recommended order, no filter, no hotels. |
| HotelResultsPage.HotelResults.OnQueryParams | src/app/core/hotels/hotel-results/hotel-results.ts:69-81 | Reads the parameters from the query, loads the hotels and rebuilds the view. |
| HotelResultsPage.HotelResults.LoadHotels | src/app/core/hotels/hotel-results/hotel-results.ts:83-151 | Replaces the hotels and rebuilds the view. |
| HotelResultsPage.HotelResults.SetActiveTab | src/app/core/hotels/hotel-results/hotel-results.ts:153-156 | Records the tab and rebuilds the view for it. |
| HotelResultsPage.HotelResults.ApplyFilters | src/app/core/hotels/hotel-results/hotel-results.ts:158-196 | The view becomes the filtered view of the current hotels; the hotels are left as they are. |
| HotelResultsPage.HotelResults.ToggleWishlist | src/app/core/hotels/hotel-results/hotel-results.ts:210-216 | The hotels after the toggle are the hotels with that one flag flipped. The view, a list of positions, is not touched, so it shows the flipped flag. |
| HotelResultsPage.HotelResults.ViewHotelDetails | src/app/core/hotels/hotel-results/hotel-results.ts:198-208 | Links to the hotel's detail screen with every parameter but the location, which the detail screen reads as 'Hyderabad'. |
| HotelResultsPage.HotelResults.SearchHotels | src/app/core/hotels/hotel-results/hotel-results.ts:222-234 | The results again, reading the parameters back unchanged. |
| HotelResultsPage.HotelResults.GetTravellersText | src/app/core/hotels/hotel-results/hotel-results.ts:271-274 | Opens with the number of adults plus children. |
| HotelResultsPage.HotelResults.IncreaseAdults | src/app/core/hotels/hotel-results/hotel-results.ts:244-246 | The parameters after `increaseAdults`. |
| HotelResultsPage.HotelResults.DecreaseAdults | src/app/core/hotels/hotel-results/hotel-results.ts:248-252 | The parameters after `decreaseAdults`. |
| HotelResultsPage.HotelResults.IncreaseChildren | src/app/core/hotels/hotel-results/hotel-results.ts:254-256 | The parameters after `increaseChildren`. |
| HotelResultsPage.HotelResults.DecreaseChildren | src/app/core/hotels/hotel-results/hotel-results.ts:258-262 | The parameters after `decreaseChildren`. |
| Dates.DateField | src/app/core/hotels/checkout/checkout.ts:146-150 | An empty field is no date, an unreadable one is an invalid date, and any other is the instant `parse` gives. |
| Dates.FormatShortDate | src/app/core/hotels/hotel-detail/hotel-detail.ts:171-176 | '' exactly for an empty date field. |
| HotelDetailPage.WishlistFlipped | src/app/core/hotels/hotel-detail/hotel-detail.ts:159-163 | Flips the shown hotel's flag and keeps its id; no hotel stays no hotel. |
| HotelDetailPage.WishlistTwice | src/app/core/hotels/hotel-detail/hotel-detail.ts:159-163 | Toggling twice restores the hotel. |
| HotelDetailPage.HotelDetail.constructor | src/app/core/hotels/hotel-detail/hotel-detail.ts:30-59 | No hotel, the overview tab, the default parameters. |
| HotelDetailPage.HotelDetail.OnInit | src/app/core/hotels/hotel-detail/hotel-detail.ts:67-80 | Reads the parameters from the query and shows the route's hotel, or hotel '1'. |
| HotelDetailPage.HotelDetail.LoadHotel | src/app/core/hotels/hotel-detail/hotel-detail.ts:82-145 | Shows a hotel with the given id, not on the wishlist. |
| HotelDetailPage.HotelDetail.SetActiveTab | src/app/core/hotels/hotel-detail/hotel-detail.ts:147-149 | Sets the tab and nothing else. |
| HotelDetailPage.HotelDetail.GoToRooms | src/app/core/hotels/hotel-detail/hotel-detail.ts:151-157 | Navigates exactly when a hotel is shown, to that hotel's rooms, with parameters that read back unchanged. |
| HotelDetailPage.HotelDetail.ToggleWishlist | src/app/core/hotels/hotel-detail/hotel-detail.ts:159-163 | The hotel after the toggle is the flipped hotel. |
| HotelDetailPage.HotelDetail.SearchHotels | src/app/core/hotels/hotel-detail/hotel-detail.ts:183-195 | Back to the results, reading the parameters back unchanged. |
| HotelDetailPage.HotelDetail.GetTravellersText | src/app/core/hotels/hotel-detail/hotel-detail.ts:178-181 | Opens with the number of adults plus children. |
| HotelDetailPage.HotelDetail.IncreaseAdults | src/app/core/hotels/hotel-detail/hotel-detail.ts:205-207 | The parameters after `increaseAdults`. |
| HotelDetailPage.HotelDetail.DecreaseAdults | src/app/core/hotels/hotel-detail/hotel-detail.ts:209-213 | The parameters after `decreaseAdults`. |
| HotelDetailPage.HotelDetail.IncreaseChildren | src/app/core/hotels/hotel-detail/hotel-detail.ts:215-217 | The parameters after `increaseChildren`. |
| HotelDetailPage.HotelDetail.DecreaseChildren | src/app/core/hotels/hotel-detail/hotel-detail.ts:219-223 | The parameters after `decreaseChildren`. |
| RoomSelectionPage.RoomsWithBed | src/app/core/hotels/room-selection/room-selection.ts:189-191 | An order-preserving subsequence of the rooms holding exactly those whose bed type mentions the digit, each as often as in the rooms. |
| RoomSelectionPage.NoBedTypeIsFilteredOut | src/app/core/hotels/room-selection/room-selection.ts:189-191 | A room without a bed type passes no bed filter. |
| RoomSelectionPage.CheckoutReadsSelection | src/app/core/hotels/room-selection/room-selection.ts:207-224 | Checkout reads back the stay and the chosen room's prices, with the defaults standing in for a price of 0. |
| RoomSelectionPage.CheckoutQueryFor | src/app/core/hotels/room-selection/room-selection.ts:207-224 | Carries the hotel, the room, the stay and the payment type as they are; the counts and both prices are written so that `+p` reads each back as itself. |
| RoomSelectionPage.RoomSelection.constructor | src/app/core/hotels/room-selection/room-selection.ts:49-64 | No hotel, no rooms, the 'all' filter, the default parameters, the dialog closed and no room selected. |
| RoomSelectionPage.RoomSelection.OnInit | src/app/core/hotels/room-selection/room-selection.ts:71-85 | Reads the parameters from the query, shows the route's hotel or hotel '1', and loads the rooms. |
| RoomSelectionPage.RoomSelection.LoadHotel | src/app/core/hotels/room-selection/room-selection.ts:87-93 | Shows the hotel with the given id. |
| RoomSelectionPage.RoomSelection.LoadRooms | src/app/core/hotels/room-selection/room-selection.ts:95-178 | Replaces the rooms and re-applies the filter. |
| RoomSelectionPage.RoomSelection.SetRoomFilter | src/app/core/hotels/room-selection/room-selection.ts:180-183 | Records the filter, then shows the rooms as `applyFilter` does for it. |
| RoomSelectionPage.RoomSelection.ApplyFilter | src/app/core/hotels/room-selection/room-selection.ts:185-193 | 'all' shows every room in order, '1bed' and '2beds' the rooms whose bed type mentions 1 or 2, and any other filter leaves the list unchanged. |
| RoomSelectionPage.RoomSelection.OpenPaymentModal | src/app/core/hotels/room-selection/room-selection.ts:195-198 | Selects the room and opens the dialog. |
| RoomSelectionPage.RoomSelection.ClosePaymentModal | src/app/core/hotels/room-selection/room-selection.ts:200-201 | Closes the dialog at once. |
| RoomSelectionPage.RoomSelection.OnCloseTimer | src/app/core/hotels/room-selection/room-selection.ts:202-204 | The timer drops the selected room. |
| RoomSelectionPage.RoomSelection.ProceedToCheckout | src/app/core/hotels/room-selection/room-selection.ts:207-224 | Navigates exactly when a room is selected and the hotel is known, carrying the stay and that room's id and prices. |
| RoomSelectionPage.RoomSelection.SearchHotels | src/app/core/hotels/room-selection/room-selection.ts:248-260 | Back to the results, reading the parameters back unchanged. |
| RoomSelectionPage.RoomSelection.GetTravellersText | src/app/core/hotels/room-selection/room-selection.ts:226-229 | Opens with the number of adults plus children. |
| RoomSelectionPage.RoomSelection.IncreaseAdults | src/app/core/hotels/room-selection/room-selection.ts:270-272 | The parameters after `increaseAdults`. |
| RoomSelectionPage.RoomSelection.DecreaseAdults | src/app/core/hotels/room-selection/room-selection.ts:274-278 | The parameters after `decreaseAdults`. |
| RoomSelectionPage.RoomSelection.IncreaseChildren | src/app/core/hotels/room-selection/room-selection.ts:280-282 | The parameters after `increaseChildren`. |
| RoomSelectionPage.RoomSelection.DecreaseChildren | src/app/core/hotels/room-selection/room-selection.ts:284-288 | The parameters after `decreaseChildren`. |
| CheckoutPage.StayOf | src/app/core/hotels/checkout/checkout.ts:105-111 | The stay read from the query: 2 adults when absent, '' for an absent date; adults and rooms are never 0. |
| CheckoutPage.Nights | src/app/core/hotels/checkout/checkout.ts:145-154 | Always at least 1, and 1 when either date is missing or unreadable. Otherwise the least number of whole days covering the gap between the dates, or 1 for no gap. |
| CheckoutPage.NightsSymmetric | src/app/core/hotels/checkout/checkout.ts:151 | The count of nights does not depend on which date comes first. |
| CheckoutPage.NightsExample | src/app/core/hotels/checkout/checkout.ts:151-153 | Exactly two days' worth of milliseconds is 2 nights; one millisecond more makes 3. |
| CheckoutPage.Rewards | src/app/core/hotels/checkout/checkout.ts:156-158 | The integer nearest to total / 100, halves rounded up. |
| CheckoutPage.RewardsOfDefaultTotal | src/app/core/hotels/checkout/checkout.ts:113-114 | The default total 42126 earns 421 points. |
| CheckoutPage.BookingFor | src/app/core/hotels/checkout/checkout.ts:117-121 | Price is unit price times nights, the total is kept, and price plus taxes is the total. |
| CheckoutPage.Checkout.constructor | src/app/core/hotels/checkout/checkout.ts:96-100 | Ten consecutive expiry years starting at the current year. |
| CheckoutPage.Checkout.CalculateNights | src/app/core/hotels/checkout/checkout.ts:145-154 | At least 1, and 1 when either date of the stay is empty. |
| CheckoutPage.Checkout.CalculateRewards | src/app/core/hotels/checkout/checkout.ts:156-158 | The rewards of the booking's total. |
| CheckoutPage.Checkout.OnQueryParams | src/app/core/hotels/checkout/checkout.ts:103-125 | Reads the stay. Prices the booking over the stay's nights with the query's prices, 17850 and 42126 when missing or 0, so price plus taxes is a non-zero total. Shows the named hotel and room, or '1'. |
| JsMath.CeilDiv | src/app/core/policy/all-policies/all-policies.ts:86 | `Math.ceil(a / b)`: the least integer whose multiple of `b` reaches `a`. |
| JsMath.RoundDiv | src/app/core/hotels/checkout/checkout.ts:157 | `Math.round(a / b)`: the nearest integer, halves rounded up. |
| Seqs.JsSlice | src/app/core/policy/all-policies/all-policies.ts:445 | `Array.prototype.slice`: never longer than the array. |
| Seqs.SliceFrom | src/app/core/policy/all-policies/all-policies.ts:444-445 | From a non-negative start, the slice is the array's elements from the start up to `size` further, clipped to the array's end. |
| Seqs.PageOfSlice | src/app/core/policy/all-policies/all-policies.ts:443-445 | A page of the slice lies within the list, is at most `size` long and holds the list's elements from the page's start. |
| Text.Trim | src/app/core/policy/all-policies/all-policies.ts:100-114 | `String.prototype.trim` on the white space `Text.IsSpace` admits: a middle part of the text, with only white space around it, that neither starts nor ends with white space. |
| Text.TrimEmptyIffAllSpace | src/app/core/policy/all-policies/all-policies.ts:100 | A query trims to '' exactly when it is all white space. |
| Text.Lower | src/app/core/policy/all-policies/all-policies.ts:432-435 | `toLowerCase` on ASCII letters keeps the length. |
| Text.LowerIdempotent | src/app/core/policy/all-policies/all-policies.ts:276-321 | Lower-casing twice is lower-casing once. |
| Text.LowerOfUpper | src/app/core/policy/all-policies/all-policies.ts:276-321 | Lower-casing an upper-cased text is lower-casing it. |
| Text.Upper | src/app/core/policy/all-policies/all-policies.ts:420 | `toUpperCase` on ASCII letters keeps the length. |
| Text.UpperIdempotent | src/app/core/policy/all-policies/all-policies.ts:420 | Upper-casing twice is upper-casing once. |

## Left out

- The list's delete dialog, the policy-detail overlay and the document click handler
  that closes the dropdown: these are outside the modelled core.
- The policy service (HTTP, URL building), the router, `localStorage`, `alert`,
  `console` and `setTimeout`. A request, a navigation and a delayed timer
  action are returned values or separate methods; the `user_id` added to a
  saved form is not modelled.
- The order in which asynchronous answers arrive. Each callback is a
  synchronous method, so an answer to an older request overwriting a newer
  one is not captured.
- The response shapes `response.policies || response.data || response`:
  the callbacks receive the fetched list itself.
- `generatePolicyNumber`: it depends on `Date.now` and `Math.random`.
- `getPricePercentage` and the checkout and room `formatRefundDate`: floating
  point and weekday formatting. The checkout's weekday `formatDate` is left out
  for the same reason.
- `editSearch`, the travellers pop-up toggles and the `compareMode`,
  `showTravellersPopup`, `addFlight` and `selectedExtras` display flags beyond
  their initial values; `submitBooking`, which only logs and alerts.
- The descriptive fields of hotels, rooms and the fixture data in `loadHotels`,
  `loadRooms` and `loadHotel`: the fixtures are parameters, and only the
  fields the logic reads are modelled.
- JavaScript `Date`: parsing, time zones, `toISOString`, the calendar fields
  of an instant and the current time are parameters. Consequences:
  - The search form's default check-out uses `now + 2 * DayMs`, where the
    source adds two local calendar days; across a daylight-saving change these
    differ by an hour.
  - `calculateEndDate` is modelled on `YYYY-MM-DD` start dates and years 0..9999.
    Other text that `new Date` would accept gives no patch in the model, and
    the time-zone shift `toISOString` can cause is not captured.
  - `populateForm`'s `formatDate` is modelled as keeping the text before 'T'.
    This matches the source for a `YYYY-MM-DD` date, alone or followed by a
    time marked UTC ('Z'). Other text that `new Date` can read is written by the
    source as the UTC date of that instant, which may differ. For text
    `new Date` cannot read, `toISOString()` throws a RangeError while the
    `patchValue` argument is being built. The form is then not patched at
    all, and `isLoading = false` after `populateForm` never runs. A non-zero
    numeric date is written by the source as the UTC date of that instant
    in milliseconds.
  - `getPaymentMonths` takes the start month; an unreadable start date,
    which the source turns into NaN month names, is not modelled.
- Floating point: `Number`/`+p` and `parseFloat` are modelled on integer text.
  Decimal, exponent, hex or padded text, and text in numeric form controls,
  are not read as numbers. The hotel rating is kept in tenths, and the 1%
  in rewards is integer rounding of total / 100.
- Unicode: `toLowerCase` and `toUpperCase` map ASCII letters only; other letters are kept as they are. `trim` removes the full ECMAScript set: tab, vertical tab, form feed, space, U+00A0, U+FEFF, U+1680, U+2000–U+200A, U+202F, U+205F, U+3000, line feed, carriage return, U+2028 and U+2029.
- `Validators.email`: its verdict is a parameter of the wizard.
- The sort's stability: the view is specified as some ordering by the key,
  not the particular order JavaScript's stable sort gives to ties.
- The edit screen's `isLoading` field is a field of the shared wizard class,
  so it also exists in create mode, where nothing reads it.
- `goBack` of the edit screen: a plain navigation.
- BackfillField: a loaded date is back-filled with its text before 'T'. The
  source writes `new Date(s).toISOString()`'s date instead. The two differ for
  readable text that is not a UTC `YYYY-MM-DD` date, and for an unreadable date,
  where the source throws. A non-zero numeric date becomes '' here; the source
  writes the UTC date of that instant. Parsing and `toISOString` are outside
  this model.
- OnPolicyLoaded: always back-fills the form and ends loading. For a record
  with a truthy date that `new Date` cannot read, the source's `formatDate`
  throws inside the success callback. The source then leaves the form
  unpatched, and `isLoading` stays true.
